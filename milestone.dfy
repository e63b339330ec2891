/**
 * The milestone tab of a construction category: the list of its task
 * breakdowns and the dialog that adds one.
 */
module Milestone {
  import opened Common
  import opened TabsSlice

  /** A task as listed by `get-all-tasks-from-category`. */
  datatype Task = Task(tbId: string, description: string, completed: bool)

  /** The body of the `add-task-breakdown` request; dates are sent as Dates. */
  datatype NewTask = NewTask(userId: string, ccId: Option<string>, description: string,
                             startDate: Date, endDate: Date)

  /**
   * The checks of `handleAddTask`, in their order. The two Dates are objects
   * and so always truthy: only the description can be missing.
   */
  function ValidateTask(description: string, startDate: Date, endDate: Date): (v: Validation)
    ensures v == MissingField <==> description == ""
    ensures v == EndBeforeStart <==> description != "" && Before(endDate, startDate)
    ensures v == Accepted ==> startDate.At? && endDate.At? ==> startDate.ms <= endDate.ms
  {
    if description == "" then MissingField
    else if Before(endDate, startDate) then EndBeforeStart
    else Accepted
  }

  /** Both dates invalid is accepted: an invalid Date compares false both ways. */
  lemma InvalidDatesAccepted(description: string)
    requires description != ""
    ensures ValidateTask(description, Invalid, Invalid) == Accepted
  {
  }

  /** The state of the milestone tab. */
  class MilestoneTab {
    var modalVisible: bool
    var taskDescription: string
    var startDate: Date
    var endDate: Date
    var tasks: seq<Task>
    var loading: bool
    var showStartPicker: bool
    var showEndPicker: bool

    /** The tab as mounted at time `now` (both dates are `new Date()`). */
    constructor (now: int)
      ensures !modalVisible && taskDescription == "" && startDate == At(now) && endDate == At(now)
      ensures tasks == [] && !loading && !showStartPicker && !showEndPicker
    {
      modalVisible, taskDescription, startDate, endDate := false, "", At(now), At(now);
      tasks, loading, showStartPicker, showEndPicker := [], false, false, false;
    }

    /**
     * The effect run when the active tab changes. The active tab is always an
     * object, so its test passes: both pickers close (and the tasks are
     * fetched again, by `FetchTasks`).
     */
    method OnActiveTabChange()
      modifies this`showStartPicker, this`showEndPicker
      ensures !showStartPicker && !showEndPicker
    {
      showStartPicker, showEndPicker := false, false;
    }

    /**
     * `fetchTasks`: requests the tasks of the active tab's category when a
     * user id is stored; a response with a `tasks` field (an empty list
     * included) replaces the list, one without it or a failure keeps it;
     * loading ends in every case.
     */
    method FetchTasks(storedUserId: Option<string>, activeTab: Tab, response: Fetch<Option<seq<Task>>>)
      returns (requested: Option<Option<string>>)
      modifies this`tasks, this`loading
      ensures requested == if Truthy(storedUserId) then Some(activeTab.key) else None
      ensures tasks == if requested.Some? && response.Received? && response.data.Some? then response.data.value
                       else old(tasks)
      ensures !loading
    {
      loading := true;
      requested := None;
      if Truthy(storedUserId) {
        requested := Some(activeTab.key);
        if response.Received? && response.data.Some? {
          tasks := response.data.value;
        }
      }
      loading := false;
    }

    /** `resetFields`: empties the description, resets both dates to `now` and closes the dialog. */
    method ResetFields(now: int)
      modifies this`taskDescription, this`startDate, this`endDate, this`modalVisible
      ensures taskDescription == "" && startDate == At(now) && endDate == At(now) && !modalVisible
    {
      taskDescription, startDate, endDate := "", At(now), At(now);
      modalVisible := false;
    }

    /**
     * `handleAddTask` followed by `AddTask`: nothing is sent while the form
     * fails its checks or no user id is stored; a request that does not fail
     * resets the form and closes the dialog, a failed one leaves all as it was.
     */
    method HandleAddTask(storedUserId: Option<string>, activeTab: Tab, succeeded: bool, now: int)
      returns (sent: Option<NewTask>)
      modifies this`taskDescription, this`startDate, this`endDate, this`modalVisible
      ensures sent.Some? <==> ValidateTask(old(taskDescription), old(startDate), old(endDate)) == Accepted
                              && Truthy(storedUserId)
      ensures sent.Some? ==> sent == Some(NewTask(storedUserId.value, activeTab.key, old(taskDescription),
                                                  old(startDate), old(endDate)))
      ensures if sent.Some? && succeeded then
                taskDescription == "" && startDate == At(now) && endDate == At(now) && !modalVisible
              else
                && taskDescription == old(taskDescription) && startDate == old(startDate)
                && endDate == old(endDate) && modalVisible == old(modalVisible)
    {
      if ValidateTask(taskDescription, startDate, endDate) != Accepted || !Truthy(storedUserId) {
        return None;
      }
      sent := Some(NewTask(storedUserId.value, activeTab.key, taskDescription, startDate, endDate));
      if succeeded {
        ResetFields(now);
      }
    }

    /** The start-date picker takes any date, even one after the end date, and closes. */
    method OnStartPicked(chosen: Date)
      modifies this`startDate, this`showStartPicker
      ensures startDate == chosen && !showStartPicker
    {
      startDate := chosen;
      showStartPicker := false;
    }

    /** The end-date picker refuses a date before the start date, and closes. */
    method OnEndPicked(chosen: Date)
      modifies this`endDate, this`showEndPicker
      ensures endDate == PickedEnd(startDate, old(endDate), chosen) && !showEndPicker
    {
      endDate := PickedEnd(startDate, endDate, chosen);
      showEndPicker := false;
    }
  }
}
