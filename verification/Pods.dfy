/** The pods the provider is handed, as far as it reads and writes them. */
module Pods {

  datatype ContainerState = Waiting | Running | Terminated(message: string, reason: string)

  datatype ContainerStatus = ContainerStatus(name: string, ready: bool, state: ContainerState)

  datatype PodStatus = PodStatus(
    phase: string,
    reason: string,
    podIP: string,
    podIPs: seq<string>,
    hostIP: string,
    containers: seq<ContainerStatus>)

  /** A pod object, shared between the caller and the cache; `instanceId` is its
      "compute.amazonaws.com/instance-id" annotation, empty when unset. */
  class Pod {
    const namespace: string
    const name: string
    const uid: string
    var instanceId: string
    var status: PodStatus

    constructor (namespace: string, name: string, uid: string, instanceId: string, status: PodStatus)
      ensures this.namespace == namespace && this.name == name && this.uid == uid
      ensures this.instanceId == instanceId && this.status == status
    {
      this.namespace, this.name, this.uid := namespace, name, uid;
      this.instanceId, this.status := instanceId, status;
    }
  }
}
