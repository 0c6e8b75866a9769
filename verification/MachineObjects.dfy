/** The in-memory AlibabaCloudMachine that the webhook and the controller mutate in place. */
module MachineObjects {
  import opened Objects

  class AlibabaCloudMachine {
    var finalizer: bool
    var deleting: bool
    var spec: MachineSpec
    var status: MachineStatus

    constructor (m: Machine)
      ensures View() == m
    {
      finalizer, deleting, spec, status := m.finalizer, m.deleting, m.spec, m.status;
    }

    function View(): Machine
      reads this
    {
      Machine(finalizer, deleting, spec, status)
    }
  }
}
