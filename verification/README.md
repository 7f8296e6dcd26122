# Always-pull-images admission gate

A Dafny model of the `alwayspullimages` admission plugin of the Kubernetes control plane, as it is vendored in the repository. Before a pod is persisted, the plugin rewrites the image pull policy of every container to `Always`. That way a container never starts from a cached local image that the registry would not hand to this client. The plugin's implementation file is not part of this model. The model is built from the behaviour its test suite asserts for `alwaysPullImages.Admit`.

Modules:

- `Api`: containers, with a name, an image and a pull policy (`Unset`, `Always`, `IfNotPresent`, `Never`); pod specs as a sequence of containers; and the request payload `Object`, which is a `Pod` or an `Other` object of a named type (a service, say).
- `Admission`: the request attributes the admission chain passes in. These are the object, the claimed kind, the resource, the subresource and the operation. The module also holds the response: `Allowed` or `Denied(UnexpectedObjectType)`, together with the object as it stands after the call.
- `AlwaysPullImages`: the gate `Admit`, the rewrite `ForceAlways`, a reference definition of the rewrite (`IsPullAlwaysRewrite`), a relational statement of the whole gate (`AdmitSpec`), and the lemmas relating them.
- `AlwaysPullImagesTests`: the concrete scenarios of `TestAdmission` and `TestOtherResources`, stated as lemmas.

The Go handler mutates the pod in place through a pointer. In the model, `Admit` instead returns the possibly rewritten object alongside its status. The handler keeps no state between calls, and the tests build a fresh handler for each case. So `Admit` is a pure function of the request attributes.

## Model

| member | source | states |
|---|---|---|
| AlwaysPullImages.Admit | vendor/k8s.io/kubernetes/plugin/pkg/admission/alwayspullimages/admission_test.go:43-51 | For a Create request: the request is allowed exactly when it does not target the primary pod resource or its object is a pod. A denial is always `UnexpectedObjectType` and leaves the object as it was. A request not aimed at the primary pod resource leaves the object as it was. A pod sent to that resource comes back as a pod whose containers all pull always and are otherwise unchanged. |
| AlwaysPullImages.AdmitSpecUnique | vendor/k8s.io/kubernetes/plugin/pkg/admission/alwayspullimages/admission_test.go:75-116 | The relational specification of the gate (ignore, refuse, or rewrite) admits exactly one response to each Create request, and that response is `Admit`'s. |
| AlwaysPullImages.ForceAlwaysIsRewrite | vendor/k8s.io/kubernetes/plugin/pkg/admission/alwayspullimages/admission_test.go:27-28 | The rewrite keeps the number and order of containers. It keeps each container's name and image, and it sets every pull policy to `Always`, whatever the policy was before. |
| AlwaysPullImages.RewriteIsUnique | vendor/k8s.io/kubernetes/plugin/pkg/admission/alwayspullimages/admission_test.go:47-51 | A container sequence is a correct pull-always rewrite of the input if and only if it equals the gate's rewrite. |
| AlwaysPullImages.ForceAlwaysFixedIffAllAlways | vendor/k8s.io/kubernetes/plugin/pkg/admission/alwayspullimages/admission_test.go:39 | The rewrite leaves a container sequence unchanged if and only if every container in it already pulls always. |
| AlwaysPullImages.ForceAlwaysIdempotent | vendor/k8s.io/kubernetes/plugin/pkg/admission/alwayspullimages/admission_test.go:47-51 | Rewriting an already rewritten container sequence changes nothing. |
| AlwaysPullImages.AdmitPodCreate | vendor/k8s.io/kubernetes/plugin/pkg/admission/alwayspullimages/admission_test.go:43-51 | A Create of a pod with resource "pods" and no subresource is allowed. Afterwards every container pulls always, and the containers keep their count, names and images. |
| AlwaysPullImages.AdmitIgnoresOtherResource | vendor/k8s.io/kubernetes/plugin/pkg/admission/alwayspullimages/admission_test.go:75-80 | A request for a resource other than "pods" is allowed and its object, even a pod, is returned unchanged. |
| AlwaysPullImages.AdmitIgnoresSubresource | vendor/k8s.io/kubernetes/plugin/pkg/admission/alwayspullimages/admission_test.go:81-87 | A request with a non-empty subresource is allowed and its object, even a pod, is returned unchanged. |
| AlwaysPullImages.AdmitRejectsNonPodObject | vendor/k8s.io/kubernetes/plugin/pkg/admission/alwayspullimages/admission_test.go:88-94 | A request for the primary pod resource whose object is not a pod is denied with `UnexpectedObjectType`, and the object is returned unchanged. |
| AlwaysPullImages.AdmitIgnoresKind | vendor/k8s.io/kubernetes/plugin/pkg/admission/alwayspullimages/admission_test.go:75-94 | The kind string the request claims does not affect the response. The decision to act depends on resource and subresource, and the error depends on the object's actual variant. |
| AlwaysPullImages.AdmitAlreadyAlwaysUnchanged | vendor/k8s.io/kubernetes/plugin/pkg/admission/alwayspullimages/admission_test.go:39 | A pod whose containers all pull always is allowed and returned unchanged, whatever resource the request targets. |
| AlwaysPullImages.AdmitIdempotent | vendor/k8s.io/kubernetes/plugin/pkg/admission/alwayspullimages/admission_test.go:47-51 | Admitting the object that the gate returned gives the same response again. |
| AlwaysPullImages.RewriteContainers | vendor/k8s.io/kubernetes/plugin/pkg/admission/alwayspullimages/admission_test.go:27-28 | The in-place loop over a pod's containers gives a correct pull-always rewrite, and that rewrite is the gate's. |
| AlwaysPullImages.CheckAllAlways | vendor/k8s.io/kubernetes/plugin/pkg/admission/alwayspullimages/admission_test.go:47-51 | The walk over the containers after admission reports success if and only if every container pulls always. |
| AlwaysPullImagesTests.MixedPolicyPod | vendor/k8s.io/kubernetes/plugin/pkg/admission/alwayspullimages/admission_test.go:32-42 | The creation fixture is a pod of four containers, and not all of them pull always. |
| AlwaysPullImagesTests.NeverPullPod | vendor/k8s.io/kubernetes/plugin/pkg/admission/alwayspullimages/admission_test.go:59-66 | The no-op fixture is a pod with one container that never pulls. |
| AlwaysPullImagesTests.CreateMixedPodPullsAlways | vendor/k8s.io/kubernetes/plugin/pkg/admission/alwayspullimages/admission_test.go:43-51 | Creating the four-container pod is allowed. It yields the same four containers in order, all pulling always. |
| AlwaysPullImagesTests.OtherResourceLeavesPolicy | vendor/k8s.io/kubernetes/plugin/pkg/admission/alwayspullimages/admission_test.go:109-116 | Kind "Foo" with resource "foos" is allowed, and the container still never pulls. |
| AlwaysPullImagesTests.ExecSubresourceLeavesPolicy | vendor/k8s.io/kubernetes/plugin/pkg/admission/alwayspullimages/admission_test.go:81-87 | Resource "pods" with subresource "exec" is allowed, and the container still never pulls. |
| AlwaysPullImagesTests.ServiceAsPodIsRefused | vendor/k8s.io/kubernetes/plugin/pkg/admission/alwayspullimages/admission_test.go:102-105 | A service sent to resource "pods" under kind "Pod" is denied. |

## Left out

- AlwaysPullImages.Admit: its contract is stated only for Create requests. `Admit` does not read the operation, and the admission chain decides which operations reach the plugin. The tests only use Create, so nothing is claimed about Update, Delete or Connect.
- The plugin's registration and `Handles(operation)`: the implementation file is not part of this model.
- Init containers: the tested pods have none, so the model holds only the regular containers.
- The API group of the resource: a resource is modelled as its plain name ("pods"). The attribute-record and resource constructors of the admission framework are replaced by the `Attributes` datatype.
- Namespace, name, object metadata and user info: they are passed along with the request but never affect the outcome.
- The text of the error: the tests only assert that an error is returned. It is modelled as the single value `UnexpectedObjectType`.
- Pointer aliasing and in-place mutation: the model returns the new object instead.
- Concurrency: each call is independent and holds no shared state, so there is nothing to model.
