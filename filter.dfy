/**
 * The broker's filter: the Deployment that runs the filter pods and the
 * Service in front of them, both built from the Broker they belong to.
 * The Kubernetes objects are simplified to the fields these builders set.
 */
module Filter {

  /** The Broker object the filter belongs to. */
  datatype Broker = Broker(name: string, namespace: string, uid: string)

  datatype FilterArgs = FilterArgs(broker: Broker, image: string, serviceAccountName: string)

  /** A controller owner reference, as NewControllerRef builds one. */
  datatype OwnerReference = OwnerReference(
    apiVersion: string, kind: string, name: string, uid: string, controller: bool, blockOwnerDeletion: bool)

  datatype ObjectMeta = ObjectMeta(
    namespace: string, name: string, labels: map<string, string>,
    annotations: map<string, string>, ownerReferences: seq<OwnerReference>)

  /** An environment variable whose value is read from a field of the pod. */
  datatype EnvVar = EnvVar(name: string, fieldPath: string)

  datatype Container = Container(name: string, image: string, env: seq<EnvVar>)

  datatype PodTemplate = PodTemplate(meta: ObjectMeta, serviceAccountName: string, containers: seq<Container>)

  datatype Deployment = Deployment(meta: ObjectMeta, selector: map<string, string>, template: PodTemplate)

  datatype ServicePort = ServicePort(name: string, port: int, targetPort: int)

  datatype Service = Service(meta: ObjectMeta, selector: map<string, string>, ports: seq<ServicePort>)

  /** The API group and version of the eventing resources. */
  const EventingGroup := "eventing.knative.dev"
  const EventingVersion := "v1alpha1"

  const BrokerLabelKey := "eventing.knative.dev/broker"
  const BrokerRoleLabelKey := "eventing.knative.dev/brokerRole"
  const FilterRole := "filter"

  /** filterLabels: which broker the object serves, and in which role. */
  function FilterLabels(b: Broker): map<string, string>
  {
    map[BrokerLabelKey := b.name, BrokerRoleLabelKey := FilterRole]
  }

  /** The name of both filter objects of a broker. */
  function FilterName(b: Broker): string
  {
    b.name + "-broker-filter"
  }

  /** The reference making the broker the controlling owner of an object. */
  function BrokerControllerRef(b: Broker): OwnerReference
  {
    OwnerReference(EventingGroup + "/" + EventingVersion, "Broker", b.name, b.uid, true, true)
  }

  function MakeFilterDeployment(args: FilterArgs): Deployment
  {
    var b := args.broker;
    Deployment(
      ObjectMeta(b.namespace, FilterName(b), FilterLabels(b), map[], [BrokerControllerRef(b)]),
      FilterLabels(b),
      PodTemplate(
        ObjectMeta("", "", FilterLabels(b), map["sidecar.istio.io/inject" := "true"], []),
        args.serviceAccountName,
        [Container("filter", args.image, [EnvVar("NAMESPACE", "metadata.namespace")])]))
  }

  function MakeFilterService(b: Broker): Service
  {
    Service(
      ObjectMeta(b.namespace, FilterName(b), FilterLabels(b), map[], [BrokerControllerRef(b)]),
      FilterLabels(b),
      [ServicePort("http", 80, 8080)])
  }

  /** A label selector picks the objects carrying every one of its labels. */
  predicate Selects(selector: map<string, string>, labels: map<string, string>)
  {
    forall k :: k in selector ==> k in labels && labels[k] == selector[k]
  }

  /** filterLabels has exactly the broker and role entries. */
  lemma FilterLabelsShape(b: Broker)
    ensures FilterLabels(b).Keys == {BrokerLabelKey, BrokerRoleLabelKey}
    ensures |FilterLabels(b)| == 2
    ensures FilterLabels(b)[BrokerLabelKey] == b.name && FilterLabels(b)[BrokerRoleLabelKey] == FilterRole
  {
    var m := FilterLabels(b);
    assert BrokerLabelKey != BrokerRoleLabelKey by {
      assert |BrokerLabelKey| != |BrokerRoleLabelKey|;
    }
    assert m.Keys == {BrokerLabelKey, BrokerRoleLabelKey};
  }

  /** The Deployment and the Service have the same name, in the broker's namespace. */
  lemma FilterObjectsNamed(args: FilterArgs)
    ensures var d := MakeFilterDeployment(args);
            var s := MakeFilterService(args.broker);
      && d.meta.name == s.meta.name == args.broker.name + "-broker-filter"
      && d.meta.namespace == s.meta.namespace == args.broker.namespace
  {
  }

  /** The Deployment's selector picks its own pods. */
  lemma DeploymentSelectsItsPods(args: FilterArgs)
    ensures var d := MakeFilterDeployment(args);
      d.selector == d.template.meta.labels && Selects(d.selector, d.template.meta.labels)
  {
  }

  /**
   * The Service of broker `b` sends traffic to the filter pods of broker
   * `c` exactly when `b` and `c` have the same name.
   */
  lemma ServiceSelectsFilterPodsIff(b: Broker, args: FilterArgs)
    ensures Selects(MakeFilterService(b).selector, MakeFilterDeployment(args).template.meta.labels)
            <==> b.name == args.broker.name
  {
    FilterLabelsShape(b);
    FilterLabelsShape(args.broker);
    if Selects(MakeFilterService(b).selector, MakeFilterDeployment(args).template.meta.labels) {
      assert BrokerLabelKey in MakeFilterService(b).selector;
    }
  }

  /** One container, "filter", running the given image under the given service account, told its namespace. */
  lemma FilterPodSpec(args: FilterArgs)
    ensures var t := MakeFilterDeployment(args).template;
      && t.serviceAccountName == args.serviceAccountName
      && |t.containers| == 1
      && t.containers[0].name == "filter" && t.containers[0].image == args.image
      && t.containers[0].env == [EnvVar("NAMESPACE", "metadata.namespace")]
  {
  }

  /** The Service has one port, "http", forwarding port 80 to the pods' port 8080. */
  lemma FilterServicePorts(b: Broker)
    ensures MakeFilterService(b).ports == [ServicePort("http", 80, 8080)]
  {
  }

  /** Each object has a single owner: the broker, as controller, of kind Broker. */
  lemma FilterObjectsOwnedByBroker(args: FilterArgs)
    ensures var refs := [MakeFilterDeployment(args).meta.ownerReferences, MakeFilterService(args.broker).meta.ownerReferences];
      forall i :: 0 <= i < 2 ==>
        |refs[i]| == 1 && refs[i][0].kind == "Broker" && refs[i][0].controller
        && refs[i][0].name == args.broker.name && refs[i][0].uid == args.broker.uid
  {
  }
}
