/** The human-in-the-loop interrupt shape the agent graph declares: an action
    request, the responses the human may give, and an optional description. */
module Graph {
  import opened Wrappers
  import opened Py

  /** Which kinds of human response the interrupt admits. */
  datatype HumanInterruptConfig = HumanInterruptConfig(
    allowIgnore: bool,
    allowRespond: bool,
    allowEdit: bool,
    allowAccept: bool)

  /** The action the agent asks the human to perform or approve. */
  datatype ActionRequest = ActionRequest(action: string, args: map<string, Json>)

  datatype HumanInterrupt = HumanInterrupt(
    actionRequest: ActionRequest,
    config: HumanInterruptConfig,
    description: Option<string>)
}
