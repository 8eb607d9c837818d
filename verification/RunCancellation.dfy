/** The in-process registry through which a live scheduler run can be aborted. */
module RunCancellation {

  datatype RunId = RunId(generation: nat, wake: nat)

  /** An abort controller, identified by its creation order. */
  type Controller = nat

  datatype Registry = Registry(controllers: map<RunId, Controller>, aborted: set<Controller>) {

    function Register(runId: RunId, controller: Controller): Registry {
      this.(controllers := controllers[runId := controller])
    }

    /** Clears the entry only while it still belongs to this controller. */
    function Unregister(runId: RunId, controller: Controller): Registry {
      if runId in controllers && controllers[runId] == controller
      then this.(controllers := controllers - {runId}) else this
    }

    function AbortRun(runId: RunId): Registry {
      if runId in controllers then this.(aborted := aborted + {controllers[runId]}) else this
    }
  }

  class RunRegistry {
    var controllers: map<RunId, Controller>
    var aborted: set<Controller>

    constructor ()
      ensures View() == Registry(map[], {})
    {
      controllers, aborted := map[], {};
    }

    function View(): Registry
      reads this
    {
      Registry(controllers, aborted)
    }

    method Register(runId: RunId, controller: Controller)
      modifies this
      ensures View() == old(View()).Register(runId, controller)
    {
      controllers := controllers[runId := controller];
    }

    method Unregister(runId: RunId, controller: Controller)
      modifies this
      ensures View() == old(View()).Unregister(runId, controller)
    {
      if runId in controllers && controllers[runId] == controller {
        controllers := controllers - {runId};
      }
    }

    /** Answers whether a live, not yet aborted controller was found and aborted. */
    method AbortRun(runId: RunId) returns (found: bool)
      modifies this
      ensures View() == old(View()).AbortRun(runId)
      ensures found <==> runId in old(controllers) && old(controllers)[runId] !in old(aborted)
    {
      if runId !in controllers || controllers[runId] in aborted {
        found := false;
        if runId in controllers { assert aborted + {controllers[runId]} == aborted; }
        return;
      }
      aborted := aborted + {controllers[runId]};
      found := true;
    }
  }
}
